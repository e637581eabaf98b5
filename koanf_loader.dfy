/** koanfleaf's ConfigLoader: its builder, the transform from environment
    variable names to config keys, and the order of Load's phases. */
module KoanfLoader {
  import opened Wrappers
  import opened Mapstructure

  // ---------------------------------------------------------------------------
  // Environment variable names to keys

  predicate IsUpperAscii(c: char) { 'A' <= c <= 'Z' }

  /** strings.ToLower on one character, for ASCII. */
  function LowerAscii(c: char): (r: char)
    ensures !IsUpperAscii(r)
    ensures IsUpperAscii(c) ==> r as int == c as int + 32
    ensures !IsUpperAscii(c) ==> r == c
  {
    if IsUpperAscii(c) then (c as int + 32) as char else c
  }

  /** strings.TrimPrefix. */
  function TrimPrefix(s: string, prefix: string): (r: string)
    ensures prefix <= s ==> prefix + r == s
    ensures !(prefix <= s) ==> r == s
  {
    if prefix <= s then s[|prefix|..] else s
  }

  /** strings.ToLower, restricted to ASCII letters. */
  function ToLower(s: string): (r: string)
    ensures |r| == |s|
    ensures forall i | 0 <= i < |s| :: r[i] == LowerAscii(s[i])
    ensures forall c | c in r :: !IsUpperAscii(c)
    ensures r == s <==> forall c | c in s :: !IsUpperAscii(c)
  {
    seq(|s|, i requires 0 <= i < |s| => LowerAscii(s[i]))
  }

  /** strings.ReplaceAll(s, "_", delim). */
  function ReplaceUnderscores(s: string, delim: string): string
    decreases |s|
  {
    if s == [] then []
    else (if s[0] == '_' then delim else [s[0]]) + ReplaceUnderscores(s[1..], delim)
  }

  /** The envCb closure of Load: prefix stripped, lower-cased, underscores
      turned into the delimiter. */
  function EnvKey(envPrefix: string, delim: string, s: string): (r: string)
    ensures forall c | c in r :: c in delim || (c != '_' && !IsUpperAscii(c))
  {
    var low := ToLower(TrimPrefix(s, envPrefix));
    ReplaceUnderscoresChars(low, delim);
    ReplaceUnderscores(low, delim)
  }

  /** What ReplaceUnderscores leaves: no underscore and no upper-case letter
      beyond those of its input's non-underscore characters and of the
      delimiter; underscores and their number of occurrences are replaced one
      for one. */
  lemma {:induction false} ReplaceUnderscoresChars(s: string, delim: string)
    ensures forall c | c in ReplaceUnderscores(s, delim) :: (c in s && c != '_') || c in delim
    ensures '_' !in s ==> ReplaceUnderscores(s, delim) == s
    decreases |s|
  {
    if s != [] {
      ReplaceUnderscoresChars(s[1..], delim);
      var head := if s[0] == '_' then delim else [s[0]];
      var tail := ReplaceUnderscores(s[1..], delim);
      forall c | c in head + tail ensures (c in s && c != '_') || c in delim {
        if c in tail {
          assert c in s[1..] ==> c in s;
        }
      }
      if '_' !in s {
        assert s == [s[0]] + s[1..];
      }
    }
  }

  /** When the delimiter has no '_' and no upper-case letter, the key has
      neither. */
  lemma EnvKeyNormalised(envPrefix: string, delim: string, s: string)
    requires '_' !in delim && forall c | c in delim :: !IsUpperAscii(c)
    ensures '_' !in EnvKey(envPrefix, delim, s)
    ensures forall c | c in EnvKey(envPrefix, delim, s) :: !IsUpperAscii(c)
  {
    var low := ToLower(TrimPrefix(s, envPrefix));
    ReplaceUnderscoresChars(low, delim);
    forall c | c in low ensures !IsUpperAscii(c) {
      var i :| 0 <= i < |low| && low[i] == c;
    }
  }

  /** The prefix is stripped before lower-casing, so it must match case for
      case; a name without it keeps all of its characters. */
  lemma EnvKeyPrefix(envPrefix: string, delim: string, s: string)
    ensures envPrefix <= s ==> EnvKey(envPrefix, delim, s) == ReplaceUnderscores(ToLower(s[|envPrefix|..]), delim)
    ensures !(envPrefix <= s) ==> EnvKey(envPrefix, delim, s) == ReplaceUnderscores(ToLower(s), delim)
  {
  }

  /** With the prefix "KOANFLEAF_UNITTEST_" and delimiter ".", the name
      KOANFLEAF_UNITTEST_G_H is the key "g.h". The name is a parameter fixed
      by the precondition so that the solver works step by step. */
  lemma EnvKeyExample(s: string)
    requires s == "KOANFLEAF_UNITTEST_G_H"
    ensures EnvKey("KOANFLEAF_UNITTEST_", ".", s) == "g.h"
  {
    var p := "KOANFLEAF_UNITTEST_";
    assert p <= s;
    var t := s[|p|..];
    assert t == "G_H";
    var low := ToLower(t);
    assert low == "g_h";
    assert low[1..] == "_h" && low[1..][1..] == "h" && low[1..][1..][1..] == "";
    assert ReplaceUnderscores("h", ".") == "h";
    assert ReplaceUnderscores("_h", ".") == "." + "h";
    assert ReplaceUnderscores(low, ".") == "g" + ".h";
  }

  // ---------------------------------------------------------------------------
  // The loader and its builder

  /** The *slog.Logger a loader logs to: the builder's default (JSON to
      standard output, debug level) or one supplied by the caller. */
  datatype Logger = DefaultLogger | CustomLogger(id: nat)

  class ConfigLoader {
    var verbose: bool
    var logger: Logger
    var tag: string
    var delim: string
    var envPrefix: string
    var dotEnvFile: string
    var decodeHook: HookFn

    constructor ()
      ensures verbose == false && logger == DefaultLogger
      ensures tag == "config" && delim == "." && envPrefix == "" && dotEnvFile == ".env"
      ensures decodeHook == Composed(CommonHooks)
    {
      verbose := false;
      logger := DefaultLogger;
      tag := "config";
      delim := ".";
      envPrefix := "";
      dotEnvFile := ".env";
      decodeHook := Composed(CommonHooks);
    }

    /** Load with the results of its four phases given by `outcome` (the
        koanf providers, the dotenv parser and the unmarshal are library
        code and I/O) and whether the dotenv file exists. It returns the
        error, the phases that ran and the messages it logged. */
    method Load(outcome: Phase -> Option<Error>, dotEnvExists: bool)
      returns (err: Option<Error>, ran: seq<Phase>, logged: seq<string>)
      ensures ran == Ran(Phases(dotEnvExists), outcome)
      ensures err == LoadError(Phases(dotEnvExists), outcome)
      ensures logged == (if verbose then LogLines(Completed(Phases(dotEnvExists), outcome)) else [])
    {
      // `rest` holds the phases still to run, `done` those that succeeded.
      ghost var ps := Phases(dotEnvExists);
      ghost var rest := ps;
      ghost var done: seq<Phase> := [];
      ran, logged := [LoadDefaults], [];
      var e := outcome(LoadDefaults);
      if e.Some? {
        PhaseFails(ps, [], rest, outcome);
        return Some(Wrapped(FailureMessage(LoadDefaults), e.value)), ran, logged;
      }
      logged := Log(logged, SuccessMessage(LoadDefaults));
      PhaseStep(ps, done, rest, outcome);
      LogLinesAppend(done, LoadDefaults);
      done, rest := done + [rest[0]], rest[1..];
      ran := ran + [LoadEnv];
      e := outcome(LoadEnv);
      if e.Some? {
        PhaseFails(ps, done, rest, outcome);
        return Some(Wrapped(FailureMessage(LoadEnv), e.value)), ran, logged;
      }
      logged := Log(logged, SuccessMessage(LoadEnv));
      PhaseStep(ps, done, rest, outcome);
      LogLinesAppend(done, LoadEnv);
      done, rest := done + [rest[0]], rest[1..];
      if dotEnvExists {
        ran := ran + [LoadDotEnv];
        e := outcome(LoadDotEnv);
        if e.Some? {
          PhaseFails(ps, done, rest, outcome);
          return Some(Wrapped(FailureMessage(LoadDotEnv), e.value)), ran, logged;
        }
        logged := Log(logged, SuccessMessage(LoadDotEnv));
        PhaseStep(ps, done, rest, outcome);
        LogLinesAppend(done, LoadDotEnv);
        done, rest := done + [rest[0]], rest[1..];
      }
      assert rest == [Unmarshal];
      ran := ran + [Unmarshal];
      e := outcome(Unmarshal);
      if e.Some? {
        PhaseFails(ps, done, rest, outcome);
        return Some(Wrapped(FailureMessage(Unmarshal), e.value)), ran, logged;
      }
      logged := Log(logged, SuccessMessage(Unmarshal));
      PhaseStep(ps, done, rest, outcome);
      LogLinesAppend(done, Unmarshal);
      err := None;
    }

    /** ConfigLoader.log: the message is logged only when verbose. */
    function Log(logged: seq<string>, msg: string): (r: seq<string>)
      reads this
      ensures verbose ==> r == logged + [msg]
      ensures !verbose ==> r == logged
    {
      if verbose then logged + [msg] else logged
    }
  }

  /** Load's phases. The first, which the code calls the default config, is
      koanf's structs provider over the target itself: it supplies the
      current values of the target's fields, keyed by the configured tag. */
  datatype Phase = LoadDefaults | LoadEnv | LoadDotEnv | Unmarshal

  /** The phases of Load in their order; the dotenv file is read only when it
      exists. */
  function Phases(dotEnvExists: bool): (r: seq<Phase>)
    ensures |r| >= 3 && r[0] == LoadDefaults && r[1] == LoadEnv && r[|r| - 1] == Unmarshal
    ensures LoadDotEnv in r <==> dotEnvExists
  {
    [LoadDefaults, LoadEnv] + (if dotEnvExists then [LoadDotEnv] else []) + [Unmarshal]
  }

  function FailureMessage(p: Phase): string {
    match p
    case LoadDefaults => "failed to load default config"
    case LoadEnv => "failed to load environment variables"
    case LoadDotEnv => "failed to load dotenv file"
    case Unmarshal => "failed to unmarshal config"
  }

  function SuccessMessage(p: Phase): string {
    match p
    case LoadDefaults => "loaded default config"
    case LoadEnv => "loaded environment variables"
    case LoadDotEnv => "loaded dotenv file"
    case Unmarshal => "unmarshaled config"
  }

  function LogLines(ps: seq<Phase>): seq<string> {
    seq(|ps|, i requires 0 <= i < |ps| => SuccessMessage(ps[i]))
  }

  /** The phases of ps that run: up to and including the first that fails. */
  function Ran(ps: seq<Phase>, outcome: Phase -> Option<Error>): seq<Phase>
    decreases |ps|
  {
    if ps == [] then []
    else if outcome(ps[0]).Some? then [ps[0]]
    else [ps[0]] + Ran(ps[1..], outcome)
  }

  /** The phases of ps that run and succeed. */
  function Completed(ps: seq<Phase>, outcome: Phase -> Option<Error>): seq<Phase>
    decreases |ps|
  {
    if ps == [] || outcome(ps[0]).Some? then []
    else [ps[0]] + Completed(ps[1..], outcome)
  }

  /** The error of the first phase of ps that fails, wrapped with its message. */
  function LoadError(ps: seq<Phase>, outcome: Phase -> Option<Error>): Option<Error>
    decreases |ps|
  {
    if ps == [] then None
    else if outcome(ps[0]).Some? then Some(Wrapped(FailureMessage(ps[0]), outcome(ps[0]).value))
    else LoadError(ps[1..], outcome)
  }

  /** One successful phase, then the rest. */
  lemma PhaseSucceeds(ps: seq<Phase>, outcome: Phase -> Option<Error>)
    requires ps != [] && outcome(ps[0]).None?
    ensures Ran(ps, outcome) == [ps[0]] + Ran(ps[1..], outcome)
    ensures Completed(ps, outcome) == [ps[0]] + Completed(ps[1..], outcome)
    ensures LoadError(ps, outcome) == LoadError(ps[1..], outcome)
  {
  }

  /** Where Load stands: the phases `done` have succeeded and `rest` are
      still to run. */
  ghost predicate LoadsFrom(ps: seq<Phase>, done: seq<Phase>, rest: seq<Phase>, outcome: Phase -> Option<Error>) {
    && ps == done + rest
    && Ran(ps, outcome) == done + Ran(rest, outcome)
    && Completed(ps, outcome) == done + Completed(rest, outcome)
    && LoadError(ps, outcome) == LoadError(rest, outcome)
  }

  /** Load's next phase succeeds. */
  lemma PhaseStep(ps: seq<Phase>, done: seq<Phase>, rest: seq<Phase>, outcome: Phase -> Option<Error>)
    requires (done == [] && rest == ps) || LoadsFrom(ps, done, rest, outcome)
    requires rest != [] && outcome(rest[0]).None?
    ensures LoadsFrom(ps, done + [rest[0]], rest[1..], outcome)
  {
    PhaseSucceeds(rest, outcome);
    assert done + rest == (done + [rest[0]]) + rest[1..];
  }

  /** Load's next phase fails. */
  lemma PhaseFails(ps: seq<Phase>, done: seq<Phase>, rest: seq<Phase>, outcome: Phase -> Option<Error>)
    requires (done == [] && rest == ps) || LoadsFrom(ps, done, rest, outcome)
    requires rest != [] && outcome(rest[0]).Some?
    ensures Ran(ps, outcome) == done + [rest[0]] && Completed(ps, outcome) == done
    ensures LoadError(ps, outcome) == Some(Wrapped(FailureMessage(rest[0]), outcome(rest[0]).value))
  {
  }

  lemma LogLinesAppend(ps: seq<Phase>, p: Phase)
    ensures LogLines(ps + [p]) == LogLines(ps) + [SuccessMessage(p)]
  {
  }

  /** The phases run in order and stop at the first failure: what ran is a
      prefix of the phases, every phase of it but the last succeeded, the
      load fails exactly when some phase fails, with the message of the
      first failing phase, and the completed phases are those that ran,
      less the failing one. */
  lemma {:induction false} RunsInOrder(ps: seq<Phase>, outcome: Phase -> Option<Error>)
    requires ps != []
    ensures var ran := Ran(ps, outcome);
      && ran != [] && ran <= ps
      && (forall i | 0 <= i < |ran| - 1 :: outcome(ran[i]).None?)
      && (LoadError(ps, outcome).None? <==> forall i | 0 <= i < |ps| :: outcome(ps[i]).None?)
      && (LoadError(ps, outcome).None? ==> ran == ps && Completed(ps, outcome) == ps)
      && (LoadError(ps, outcome).Some? ==>
            outcome(ran[|ran| - 1]).Some?
            && LoadError(ps, outcome) == Some(Wrapped(FailureMessage(ran[|ran| - 1]), outcome(ran[|ran| - 1]).value))
            && Completed(ps, outcome) == ran[..|ran| - 1])
    decreases |ps|
  {
    if outcome(ps[0]).None? && |ps| > 1 {
      RunsInOrder(ps[1..], outcome);
      var rest := Ran(ps[1..], outcome);
      assert Ran(ps, outcome) == [ps[0]] + rest;
      assert ps == [ps[0]] + ps[1..];
      forall i | 0 <= i < |ps| ensures i > 0 ==> ps[i] == ps[1..][i - 1] {
      }
      if LoadError(ps, outcome).Some? {
        assert ([ps[0]] + rest)[..|rest|] == [ps[0]] + rest[..|rest| - 1];
      }
    }
  }

  /** So the dotenv phase runs only when the file exists ... */
  lemma DotEnvOnlyIfPresent(dotEnvExists: bool, outcome: Phase -> Option<Error>)
    ensures LoadDotEnv in Ran(Phases(dotEnvExists), outcome) ==> dotEnvExists
  {
    var ps := Phases(dotEnvExists);
    RunsInOrder(ps, outcome);
    var ran := Ran(ps, outcome);
    if LoadDotEnv in ran {
      var i :| 0 <= i < |ran| && ran[i] == LoadDotEnv;
      assert ps[i] == LoadDotEnv;
    }
  }

  /** ... and the unmarshal only when every phase before it succeeded. */
  lemma UnmarshalOnlyAfterLoads(dotEnvExists: bool, outcome: Phase -> Option<Error>)
    ensures Unmarshal in Ran(Phases(dotEnvExists), outcome) ==>
      forall p | p in Phases(dotEnvExists) && p != Unmarshal :: outcome(p).None?
  {
    var ps := Phases(dotEnvExists);
    RunsInOrder(ps, outcome);
    var ran := Ran(ps, outcome);
    if Unmarshal in ran {
      var i :| 0 <= i < |ran| && ran[i] == Unmarshal;
      assert ps[i] == Unmarshal;
      assert forall j | 0 <= j < |ps| - 1 :: ps[j] != Unmarshal;
      assert |ran| == |ps|;
      forall p | p in ps && p != Unmarshal ensures outcome(p).None? {
        var j :| 0 <= j < |ps| && ps[j] == p;
        assert ran[j] == p;
      }
    }
  }

  class ConfigLoaderBuilder {
    /** The loader under construction; Build hands out this very object. */
    const data: ConfigLoader

    constructor ()
      ensures fresh(data)
      ensures data.verbose == false && data.logger == DefaultLogger
      ensures data.tag == "config" && data.delim == "." && data.envPrefix == "" && data.dotEnvFile == ".env"
      ensures data.decodeHook == Composed(CommonHooks)
    {
      data := new ConfigLoader();
    }

    method Verbose(verbose: bool) returns (r: ConfigLoaderBuilder)
      modifies data
      ensures r == this
      ensures data.verbose == verbose && data.logger == old(data.logger)
      ensures data.tag == old(data.tag) && data.delim == old(data.delim) && data.envPrefix == old(data.envPrefix)
      ensures data.dotEnvFile == old(data.dotEnvFile) && data.decodeHook == old(data.decodeHook)
    {
      data.verbose := verbose;
      r := this;
    }

    method Logger(logger: Logger) returns (r: ConfigLoaderBuilder)
      modifies data
      ensures r == this
      ensures data.verbose == old(data.verbose) && data.logger == logger
      ensures data.tag == old(data.tag) && data.delim == old(data.delim) && data.envPrefix == old(data.envPrefix)
      ensures data.dotEnvFile == old(data.dotEnvFile) && data.decodeHook == old(data.decodeHook)
    {
      data.logger := logger;
      r := this;
    }

    method Tag(tag: string) returns (r: ConfigLoaderBuilder)
      modifies data
      ensures r == this
      ensures data.verbose == old(data.verbose) && data.logger == old(data.logger)
      ensures data.tag == tag && data.delim == old(data.delim) && data.envPrefix == old(data.envPrefix)
      ensures data.dotEnvFile == old(data.dotEnvFile) && data.decodeHook == old(data.decodeHook)
    {
      data.tag := tag;
      r := this;
    }

    method Delim(delim: string) returns (r: ConfigLoaderBuilder)
      modifies data
      ensures r == this
      ensures data.verbose == old(data.verbose) && data.logger == old(data.logger)
      ensures data.tag == old(data.tag) && data.delim == delim && data.envPrefix == old(data.envPrefix)
      ensures data.dotEnvFile == old(data.dotEnvFile) && data.decodeHook == old(data.decodeHook)
    {
      data.delim := delim;
      r := this;
    }

    method EnvPrefix(envPrefix: string) returns (r: ConfigLoaderBuilder)
      modifies data
      ensures r == this
      ensures data.verbose == old(data.verbose) && data.logger == old(data.logger)
      ensures data.tag == old(data.tag) && data.delim == old(data.delim) && data.envPrefix == envPrefix
      ensures data.dotEnvFile == old(data.dotEnvFile) && data.decodeHook == old(data.decodeHook)
    {
      data.envPrefix := envPrefix;
      r := this;
    }

    method DecodeHook(decodeHook: HookFn) returns (r: ConfigLoaderBuilder)
      modifies data
      ensures r == this
      ensures data.verbose == old(data.verbose) && data.logger == old(data.logger)
      ensures data.tag == old(data.tag) && data.delim == old(data.delim) && data.envPrefix == old(data.envPrefix)
      ensures data.dotEnvFile == old(data.dotEnvFile) && data.decodeHook == decodeHook
    {
      data.decodeHook := decodeHook;
      r := this;
    }

    /** The current hook composed with the composition of the new ones: it
        keeps running first, and the whole behaves as the flat list. */
    method AppendDecodeHook(decodeHooks: seq<HookFn>) returns (r: ConfigLoaderBuilder)
      modifies data
      ensures r == this
      ensures data.verbose == old(data.verbose) && data.logger == old(data.logger)
      ensures data.tag == old(data.tag) && data.delim == old(data.delim) && data.envPrefix == old(data.envPrefix)
      ensures data.dotEnvFile == old(data.dotEnvFile)
      ensures data.decodeHook == Composed([old(data.decodeHook), Composed(decodeHooks)])
      ensures forall prim, to, v :: Run(data.decodeHook, prim, to, v) == RunAll([old(data.decodeHook)] + decodeHooks, prim, to, v)
    {
      var previous := data.decodeHook;
      data.decodeHook := Composed([previous, Composed(decodeHooks)]);
      forall prim, to, v ensures Run(data.decodeHook, prim, to, v) == RunAll([previous] + decodeHooks, prim, to, v) {
        ComposeNested(previous, decodeHooks, prim, to, v);
      }
      r := this;
    }

    method Build() returns (c: ConfigLoader)
      ensures c == data
    {
      c := data;
    }
  }

  /** The chain of the koanf test: a loader built after Verbose, Tag and
      EnvPrefix carries all three and the remaining defaults. */
  method BuilderChain() returns (c: ConfigLoader)
    ensures c.verbose && c.tag == "conf" && c.envPrefix == "KOANFLEAF_UNITTEST_"
    ensures c.delim == "." && c.dotEnvFile == ".env" && c.decodeHook == Composed(CommonHooks)
  {
    var b := new ConfigLoaderBuilder();
    b := b.Verbose(true);
    b := b.Tag("conf");
    b := b.EnvPrefix("KOANFLEAF_UNITTEST_");
    c := b.Build();
  }

  /** Build hands out the builder's own loader, so a setter called after
      Build is seen through the loader it returned. */
  method SetAfterBuild(tag: string) returns (c: ConfigLoader)
    ensures c.tag == tag && c.delim == "."
  {
    var b := new ConfigLoaderBuilder();
    c := b.Build();
    b := b.Tag(tag);
  }
}
