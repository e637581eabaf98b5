# leaf, modelled in Dafny

leaf (github.com/tlipoca9/leaf) is a set of small Go helpers around four
libraries:

- **koanfleaf** loads configuration with koanf in a fixed order. First come
  the current field values of the target struct, through koanf's structs
  provider; the code calls this the default config. Then come environment
  variables, then an optional dotenv file. It then unmarshals the result
  through a chain of mapstructure decode hooks. Separately, it offers a
  defaults provider that reads struct-tag defaults; Load does not install it.
- **gormleaf** adapts gorm's logger to log/slog.
- **ginleaf** provides request bindings for gin: a binding that fills struct-tag
  defaults, a composed binding that runs several bindings in order, and `Bind`.
- **the gin extension** provides string-to-scalar decode hooks that differ from
  koanf's, binding adapters, and a reflective handler manager. The manager
  checks a handler's signature, binds its request, calls it, and routes its
  errors.

## What the model covers

- `Strconv` models the parts of Go's strconv that the hooks call:
  `ParseUint`, `ParseInt`, `Atoi` and `ParseBool`. This covers base prefixes,
  underscores, bit sizes, and syntax and range errors. Beside the parsers is a
  reference grammar of the literals each one accepts, and lemmas proving the
  two agree.
- `Hooks` models one decode hook: its kind guard, its strconv call and its
  optional one-character fallback. It also models their composition, and proves
  that a composed list behaves as the one hook whose target kind matches.
- `KoanfHooks` and `GinHooks` are the two hook lists, with their differences
  proved.
- `Mapstructure` covers the library hooks the loaders install, by name and
  argument, and the composition semantics.
- `Schema` is a specification of the struct-tag walk. Each package has its own
  default reader, and both are proved against this walk:
  - `GinDefaults` is the gin DefaultBinding and its builder.
  - `KoanfDefaults` is the koanf defaults provider.
  - Both reader loops are proved against that walk.
- `KoanfLoader` has:
  - the loader's builder and its setters;
  - the environment-key transform;
  - `Load` as a sequence of phases that stops at the first failure.
- `GinBinding` covers ginleaf's `Bind` and `ComposeBinding`, and the composed
  binding's fail-fast `Bind`.
- `ExtBinding` covers the gin extension's `Wrap`, `WrapBindingUri` and
  `Composed`.
- `GormLogger` covers the slog-backed gorm logger and its builder.
- `Handler` covers the handler manager. This includes `assertHandler`'s
  accepted shapes, the input closure, the dispatch on the number of results,
  and the default error handler.

Library behaviour outside leaf is a parameter of the model, not computed. This
includes:

- what a gin binding does to a request;
- what koanf's providers read;
- what a foreign mapstructure hook or a handler body returns.

The model then tracks what leaf does with those results.

Builders hand out their own `data` object from `Build`, as the Go code does
with `&b.data`. So a setting changed after `Build` is seen by the built object
(`GinDefaults.RenameAfterBuild`). gorm's `logger.Config` is shared by pointer,
so `LogMode` changes it for every holder
(`GormLogger.LogModeChangesCallersConfig`).

Two places where the model follows the code rather than its documentation:

1. `assertHandler`'s doc comment lists five handler shapes, but the checks also
   accept `func(c *gin.Context, *req)` with no result. `Handler.AcceptedShapes`
   proves that exactly six shapes are accepted.
2. The gin uint8 and rune hooks defer a re-wrap of their error that assigns to
   a local variable after the results are chosen. The error returned is
   therefore strconv's own, and the model returns that.

## Model

| member | source | states |
|---|---|---|
| Strconv.ScanCorrect | koanfleaf/mapstructure.go:50-62 | ParseUint's digit loop succeeds exactly when the remaining characters are digits of the base (with underscores only where a base-0 literal allows them) and the value read fits the maximum; the value is then the Horner value of the digits without underscores |
| Strconv.ScanRange | koanfleaf/mapstructure.go:50-62 | digits whose value exceeds the width's maximum end the loop with a range error, not a syntax error |
| Strconv.ParseUintMatchesLiteral | koanfleaf/mapstructure.go:50-62 | ParseUint succeeds exactly on the unsigned literals of the base whose value fits the bit size, returning that value; out-of-range literals are range errors, and any other string fails with a syntax or range error of ParseUint (a range error when its digits overflow before an invalid character is reached) |
| Strconv.ParseIntMatchesLiteral | koanfleaf/mapstructure.go:36-48 | ParseInt succeeds exactly on the optionally signed literals whose value lies in the signed range of the bit size, returning that value; a literal out of range is a range error |
| Strconv.SignedRangeCorrect | koanfleaf/mapstructure.go:36-48 | ParseInt's sign handling and range check keep ParseUint's syntax errors and produce a range error exactly when the magnitude exceeds the signed bound |
| Strconv.WidthBounds | koanfleaf/mapstructure.go:36-172 | the signed and unsigned bounds of the 8-, 16-, 32- and 64-bit widths are Go's |
| Strconv.AtoiMatchesLiteral | extension/gin/binding/mapstructure.go:45-57 | Atoi accepts exactly a sign followed by decimal digits (no base prefix, no underscore) within the 64-bit range, and reports its errors as Atoi's |
| Strconv.ParseBool | extension/gin/binding/mapstructure.go:31-43 | an accepted string has one to five characters and its first character alone decides the value (1, t or T for true); past the first character it is RUE, rue, ALSE or alse, so mixed-case spellings are rejected; every failure is ParseBool's syntax error |
| Strconv.ParseInt | koanfleaf/mapstructure.go:36-48 | every failure is reported as ParseInt's, on the whole input string, sign included |
| Strconv.Atoi | extension/gin/binding/mapstructure.go:45-57 | every failure is reported as Atoi's, on the input string |
| Strconv.ParseUint | koanfleaf/mapstructure.go:50-62 | a result is at most the maximum of the requested width, and only a valid base and bit size give a value or a range error |
| Strconv.ByteLenOne | extension/gin/binding/mapstructure.go:110-111 | a valid UTF-8 string has length one exactly when it holds one character below 0x80 |
| Strconv.PlainDecimalLiteral | extension/gin/binding/binding_test.go:15-29 | decimal digits without a leading zero mean the same in base 0 and base 10 |
| Strconv.MulIsProduct | koanfleaf/mapstructure.go:50-62 | the multiplication the digit loop uses is the product |
| Reflect.KindOf | koanfleaf/mapstructure.go:40 | a value's kind is String exactly for a string value |
| Hooks.Parse | koanfleaf/mapstructure.go:38-212 | a hook's parse never leaves a string, and only float and complex parses are left uncomputed |
| Hooks.Recover | extension/gin/binding/mapstructure.go:104-114 | a fallback applies only to a failed parse, and only a one-character string can be recovered (for valid UTF-8 strings) |
| Hooks.Apply | extension/gin/binding/mapstructure.go:31-43 | data that is not a string, or bound for a different kind, is handed on unchanged; a converted string is no longer a string |
| Hooks.FirstFor | extension/gin/binding/mapstructure.go:11-29 | the hook found is in the list with the target kind, and none is found exactly when no hook targets the kind |
| Hooks.Compose | koanfleaf/mapstructure.go:13-34 | running the hooks in turn, each on the previous one's output and stopping at the first error, hands the data on unchanged when no hook targets the kind |
| Hooks.ComposeSelects | extension/gin/binding/mapstructure.go:11-29 | a composed hook list behaves as its first hook for the target kind, or hands the data on when there is none |
| Hooks.ComposePassesNonStrings | koanfleaf/mapstructure.go:13-34 | data that is not a string passes through any composition unchanged |
| Hooks.ComposeAsMember | koanfleaf/mapstructure.go:13-34 | when target kinds are distinct, the composition converts to a member's kind exactly as that member does |
| Hooks.FirstForDistinct | koanfleaf/mapstructure.go:13-34 | when target kinds are distinct, each member is the first hook for its own kind |
| Hooks.SignedHookCorrect | koanfleaf/mapstructure.go:38-48 | a ParseInt hook converts exactly the base-0 signed literals within its width's range to their value, and fails otherwise, with a range error for a literal out of range |
| Hooks.UnsignedHookCorrect | koanfleaf/mapstructure.go:52-62 | a ParseUint hook converts exactly the base-0 unsigned literals within its width's range, and fails otherwise |
| Hooks.UnsignedRejectsMinus | koanfleaf/mapstructure.go:52-62 | no unsigned literal starts with '-' |
| Hooks.UnsignedHookRejectsMinus | koanfleaf/mapstructure.go:52-62 | an unsigned hook fails on any string starting with '-' |
| Hooks.DecimalHookCorrect | extension/gin/binding/mapstructure.go:45-57 | the gin int hook converts exactly the decimal signed literals within 64 bits, and fails with Atoi's error otherwise |
| Hooks.BoolHookCorrect | extension/gin/binding/mapstructure.go:31-43 | the bool hook's result is ParseBool's, in both directions and for the error |
| Hooks.SignedHookTakes | koanfleaf/mapstructure.go:38-48 | a signed hook converts a literal within range to its value |
| Hooks.SignedHookRangeError | koanfleaf/mapstructure.go:38-48 | a signed hook rejects a literal out of range with ParseInt's range error |
| Hooks.SingleByteHookCorrect | extension/gin/binding/mapstructure.go:89-116 | the gin uint8 hook gives the parsed value if it fits; else the byte of a one-byte string; else the ParseUint error (for valid UTF-8 strings) |
| Hooks.SingleRuneHookCorrect | extension/gin/binding/mapstructure.go:148-176 | the gin int32 hook gives the parsed value if it fits; else the code point of a one-character string; else the ParseInt error (for valid UTF-8 strings) |
| KoanfHooks.BasicTypeTargetsDistinct | koanfleaf/mapstructure.go:13-34 | the koanf composite's target kinds are pairwise distinct |
| KoanfHooks.BasicTypeSelects | koanfleaf/mapstructure.go:13-34 | the koanf composite converts to each kind exactly as that kind's hook |
| KoanfHooks.SignedHooksCorrect | koanfleaf/mapstructure.go:38-158 | each koanf signed hook (int8 to int64, int) converts exactly the base-0 signed literals in its range |
| KoanfHooks.UnsignedHooksCorrect | koanfleaf/mapstructure.go:52-172 | each koanf unsigned hook converts exactly the base-0 unsigned literals in its range, and never a string starting with '-' |
| KoanfHooks.NoSingleByteFallback | koanfleaf/mapstructure.go:52-62 | the koanf composite rejects "a" for uint8 with a ParseUint syntax error |
| KoanfHooks.Int8TakesMax | koanfleaf/mapstructure.go:38-48 | "127" converts to int8 127 |
| KoanfHooks.Int8TakesMin | koanfleaf/mapstructure.go:38-48 | "-128" converts to int8 -128 |
| KoanfHooks.Int8RejectsPastMax | koanfleaf/mapstructure.go:38-48 | "128" is a range error for int8 |
| GinHooks.BasicTypeTargets | extension/gin/binding/mapstructure.go:11-29 | the gin composite repeats a target kind only for the byte and rune aliases, which are the same hooks, and has no complex hook |
| GinHooks.BasicTypeSelects | extension/gin/binding/mapstructure.go:11-29 | the gin composite converts to each kind exactly as that kind's hook |
| GinHooks.BasicTypeSkipsComplex | extension/gin/binding/mapstructure.go:11-29 | a complex target passes through the gin composite unchanged |
| GinHooks.IntTakesDecimal | extension/gin/binding/binding_test.go:15 | "-27" converts to int -27 |
| GinHooks.IntRejectsHex | extension/gin/binding/mapstructure.go:45-57 | "0x1A" is an Atoi syntax error for int |
| GinHooks.Int64TakesHex | extension/gin/binding/mapstructure.go:193-206 | the int64 hook reads "0x1A" as 26 |
| GinHooks.Uint8Parses | extension/gin/binding/binding_test.go:18 | "27" converts to uint8 27 |
| GinHooks.Uint8TakesByte | extension/gin/binding/binding_test.go:28 | "a" converts to uint8 97 through the fallback |
| GinHooks.Uint8RejectsTwoBytes | extension/gin/binding/mapstructure.go:104-114 | "ab" is a ParseUint syntax error for uint8 |
| GinHooks.RuneExample | extension/gin/binding/binding_test.go:29 | "好" converts to its code point 0x597D as a rune |
| GinHooks.Int8RejectsOutOfRange | extension/gin/binding/mapstructure.go:74-87 | "200" is a ParseInt range error for int8 |
| Mapstructure.RunAllAppend | koanfleaf/koanf.go:83-89 | running two hook lists one after the other is running their concatenation, stopping at the first error |
| Mapstructure.ComposeNested | koanfleaf/koanf.go:83-89 | a hook composed with a composed list behaves as the flat list with that hook first |
| Schema.WalkDerefsOnce | koanfleaf/defaults/defaults.go:28-43 | exactly one pointer level is dereferenced, and a type that is then not a struct gives nothing |
| Schema.KeyRules | ginleaf/default_binding.go:89-92 | the gin key is the json tag verbatim if present, else the field name; the koanf key is the configured tag, and a field without it has no key |
| Schema.DefaultIgnoresType | koanfleaf/defaults/defaults.go:52-59 | a keyed field with a default tag gives that string, whatever its type |
| Schema.NestedOnlyWhenNonEmpty | koanfleaf/defaults/defaults.go:53-57 | a keyed field without a default gives its type's walk as a nested map exactly when that walk is not empty |
| Schema.WalkFieldsKeys | koanfleaf/defaults/defaults.go:45-60 | the built map's keys are exactly the keys of the fields that give an entry |
| Schema.LaterFieldWins | koanfleaf/defaults/defaults.go:45-60 | when several fields give the same key, the last one's entry is kept |
| Schema.WalkFieldsPrefix | koanfleaf/defaults/defaults.go:45-60 | the walk depends only on the fields visited so far |
| Schema.SkippedFieldChangesNothing | koanfleaf/defaults/defaults.go:45-60 | appending a field that gives no entry leaves the map unchanged |
| Schema.UntaggedFieldSkipped | koanfleaf/defaults/defaults.go:48-51 | the koanf reader ignores a field without the configured tag, whatever its default or nested fields |
| Schema.WalkTrimmed | koanfleaf/defaults/defaults.go:62-65 | the walk never leaves an empty nested map |
| Schema.WalkFieldsTrimmed | ginleaf/default_binding.go:103-106 | no entry of a partial walk holds an empty nested map |
| GinDefaults.DefaultBinding.constructor | ginleaf/default_binding.go:61-64 | the binding holds the given tag name and hooks |
| GinDefaults.DefaultBinding.Config | ginleaf/default_binding.go:68-72 | the decoder reads json tags and runs the binding's hooks composed in order |
| GinDefaults.DefaultBinding.Read | ginleaf/default_binding.go:77-107 | the recursive reader's loop builds exactly the walk keyed by json tag or name, with defaults from the binding's name |
| GinDefaults.DefaultBinding.Bind | ginleaf/default_binding.go:67-115 | a decoder creation error is wrapped and nothing is decoded; otherwise the decoder is created with Config() (json tags, the hooks composed in order); no defaults means no error and no decode; otherwise the walk is decoded and Decode's error returned |
| GinDefaults.DefaultBindingBuilder.constructor | ginleaf/default_binding.go:17-41 | a new builder's binding has tag "default" and the common hooks followed by a "," slice hook |
| GinDefaults.DefaultBindingBuilder.TagName | ginleaf/default_binding.go:43-45 | sets the tag name and keeps the hooks |
| GinDefaults.DefaultBindingBuilder.DecodeHooks | ginleaf/default_binding.go:47-49 | replaces the hook list and keeps the tag name |
| GinDefaults.DefaultBindingBuilder.AddDecodeHook | ginleaf/default_binding.go:51-53 | appends one hook at the end and keeps the tag name |
| GinDefaults.DefaultBindingBuilder.Build | ginleaf/default_binding.go:55-57 | returns the builder's own binding |
| GinDefaults.RenameAfterBuild | ginleaf/default_binding.go:55-57 | renaming through the builder after Build renames the built binding |
| GinDefaults.NewBindingName | ginleaf/default_binding.go:117-120 | a new binding's name is "default" |
| KoanfDefaults.Defaults.Provider | koanfleaf/defaults/defaults.go:17-19 | the provider holds the given value's type and tag |
| KoanfDefaults.Defaults.ReadBytes | koanfleaf/defaults/defaults.go:22-24 | always fails with the "does not support this method" error and no bytes |
| KoanfDefaults.Defaults.Read | koanfleaf/defaults/defaults.go:27-69 | for a struct or a pointer to one, no error and the walk keyed by the configured tag with defaults from "default"; otherwise the "only supports structs" error |
| KoanfDefaults.Defaults.ReadType | koanfleaf/defaults/defaults.go:36-66 | the recursive reader's loop builds exactly that walk |
| KoanfDefaults.DoublePointerRefused | koanfleaf/defaults/defaults.go:28-34 | a pointer to a pointer to a struct is refused |
| KoanfDefaults.NoTaggedFields | koanfleaf/defaults/defaults.go:62-68 | a struct with no tagged field gives the empty (nil) map and no error |
| KoanfDefaults.NoTaggedFieldsWalk | koanfleaf/defaults/defaults.go:45-65 | the walk over fields without the tag is empty |
| KoanfLoader.LowerAscii | koanfleaf/koanf.go:114 | lower-casing maps each upper-case ASCII letter to its lower case and leaves every other character |
| KoanfLoader.TrimPrefix | koanfleaf/koanf.go:114 | the prefix is removed exactly when the string starts with it |
| KoanfLoader.ToLower | koanfleaf/koanf.go:114 | lower-casing keeps the length, leaves no ASCII capital, and leaves a string unchanged exactly when it has no capital (so lowering twice is lowering once) |
| KoanfLoader.EnvKey | koanfleaf/koanf.go:113-116 | the environment callback's key holds no '_' and no ASCII capital except characters of the delimiter |
| KoanfLoader.ReplaceUnderscoresChars | koanfleaf/koanf.go:115 | every '_' is replaced by the delimiter and nothing else changes; a string without '_' is unchanged |
| KoanfLoader.EnvKeyNormalised | koanfleaf/koanf.go:113-116 | with a delimiter free of '_' and upper-case letters, an environment key has neither |
| KoanfLoader.EnvKeyPrefix | koanfleaf/koanf.go:113-116 | the prefix is stripped before lower-casing, so only a case-exact prefix is removed |
| KoanfLoader.EnvKeyExample | koanfleaf/koanf_test.go:18-22 | with prefix "KOANFLEAF_UNITTEST_" and delimiter ".", "KOANFLEAF_UNITTEST_G_H" becomes "g.h" |
| KoanfLoader.ConfigLoader.constructor | koanfleaf/koanf.go:24-51 | the loader's default settings: tag "config", delimiter ".", no prefix, ".env", and the common hooks composed |
| KoanfLoader.ConfigLoader.Load | koanfleaf/koanf.go:112-154 | the phases run in order and stop at the first failure, whose error is wrapped with that phase's message; a success is logged after each completed phase only when verbose |
| KoanfLoader.ConfigLoader.Log | koanfleaf/koanf.go:106-110 | a message is logged exactly when verbose |
| KoanfLoader.Phases | koanfleaf/koanf.go:122-151 | defaults, then environment, then the dotenv file exactly when it exists, then unmarshal last |
| KoanfLoader.PhaseSucceeds | koanfleaf/koanf.go:122-151 | after a successful phase the rest run as from the start |
| KoanfLoader.PhaseStep | koanfleaf/koanf.go:122-151 | one more successful phase extends what ran and completed by that phase |
| KoanfLoader.PhaseFails | koanfleaf/koanf.go:122-151 | a failing phase is the last to run, nothing more completes, and its error is returned wrapped |
| KoanfLoader.LogLinesAppend | koanfleaf/koanf.go:126-151 | the log of one more completed phase is the earlier log plus its success message |
| KoanfLoader.RunsInOrder | koanfleaf/koanf.go:122-151 | what ran is a prefix of the phases, every phase before the last that ran succeeded, and the error is present exactly when the last one failed |
| KoanfLoader.DotEnvOnlyIfPresent | koanfleaf/koanf.go:135-140 | the dotenv phase runs only when the file exists |
| KoanfLoader.UnmarshalOnlyAfterLoads | koanfleaf/koanf.go:142-150 | unmarshal runs only when every load phase before it succeeded |
| KoanfLoader.ConfigLoaderBuilder.constructor | koanfleaf/koanf.go:24-51 | a new builder's loader has the default settings |
| KoanfLoader.ConfigLoaderBuilder.Verbose | koanfleaf/koanf.go:53-56 | sets verbose only, returning the builder |
| KoanfLoader.ConfigLoaderBuilder.Logger | koanfleaf/koanf.go:58-61 | sets the logger only, returning the builder |
| KoanfLoader.ConfigLoaderBuilder.Tag | koanfleaf/koanf.go:63-66 | sets the tag only, returning the builder |
| KoanfLoader.ConfigLoaderBuilder.Delim | koanfleaf/koanf.go:68-71 | sets the delimiter only, returning the builder |
| KoanfLoader.ConfigLoaderBuilder.EnvPrefix | koanfleaf/koanf.go:73-76 | sets the prefix only, returning the builder |
| KoanfLoader.ConfigLoaderBuilder.DecodeHook | koanfleaf/koanf.go:78-81 | replaces the decode hook only, returning the builder |
| KoanfLoader.ConfigLoaderBuilder.AppendDecodeHook | koanfleaf/koanf.go:83-89 | the new hook runs the old one, then the given ones in order |
| KoanfLoader.ConfigLoaderBuilder.Build | koanfleaf/koanf.go:91-93 | returns the builder's own loader |
| KoanfLoader.BuilderChain | koanfleaf/koanf_test.go:18-22 | the test's chain Verbose, Tag, EnvPrefix, then Build gives a verbose loader with tag "conf", the test prefix and the other defaults |
| KoanfLoader.SetAfterBuild | koanfleaf/koanf.go:91-93 | Build returns the builder's own loader, so a setter called after Build changes the built loader |
| GinBinding.ComposeBinding | ginleaf/binding.go:42-57 | panics exactly on an empty list; otherwise a composition of the bindings named "compose" followed by "_" and each binding's name |
| GinBinding.Bind | ginleaf/binding.go:63-70 | runs the composed bindings in order, stops at the first failure and wraps its error with both names; a binding that is not a composition is run once |
| GinBinding.ChildrenStop | ginleaf/binding.go:64-68 | after a failure the later children change nothing |
| GinBinding.ComposedNameExample | ginleaf/binding.go:47-52 | bindings named a and b compose to "compose_a_b" |
| GinBinding.ComposedNameShape | ginleaf/binding.go:47-52 | the composed name starts with "compose", is at least one character longer per binding, is exactly "compose" only for no bindings, and the name of a prefix of the bindings is a prefix of the name |
| GinBinding.ChildrenSucceed | ginleaf/binding.go:63-70 | a composed binding succeeds exactly when every child succeeds |
| GinBinding.FirstFailureReported | ginleaf/binding.go:63-70 | the first failing child's error is returned wrapped with both names, and nothing after it is invoked |
| GinBinding.SelectSucceeds | ginleaf/binding.go:13-21 | whatever the number of bindings given, the binding Bind selects succeeds exactly when each given binding succeeds (the structs binding when none is given) |
| GinBinding.GinBind | ginleaf/binding.go:12-32 | a URI binding error is returned wrapped before the body is bound; otherwise the selected binding runs and its error is wrapped as "bind failed" |
| ExtBinding.UriMap | extension/gin/binding/binding.go:30-36 | the loop builds exactly the params' map |
| ExtBinding.Bind | extension/gin/binding/binding.go:16-58 | each binding makes exactly the calls of the specification, a composition its members' calls in order |
| ExtBinding.UriValuesKeys | extension/gin/binding/binding.go:31-34 | the map's keys are exactly the params' keys |
| ExtBinding.UriValuesLastWins | extension/gin/binding/binding.go:31-34 | a key maps to its last param's value |
| ExtBinding.UriValuesSingletons | extension/gin/binding/binding.go:31-34 | every list in the map has one element |
| ExtBinding.ComposedAppend | extension/gin/binding/binding.go:48-52 | composing one more binding appends its calls |
| ExtBinding.CallsOfFirstPrefix | extension/gin/binding/binding.go:48-52 | the calls of a composition's first members depend only on those members |
| ExtBinding.EmptyComposedDoesNothing | extension/gin/binding/binding.go:54-58 | an empty composition makes no call |
| ExtBinding.ComposedCallsEachOnce | extension/gin/binding/binding.go:48-52 | a composition of plain bindings calls each once, in order |
| ExtBinding.WrapDelegates | extension/gin/binding/binding.go:16-42 | Wrap passes the context's request, WrapBindingUri the params' map |
| GormLogger.LoggerConfig.constructor | gormleaf/logger.go:21-26 | the configuration holds the given values |
| GormLogger.SlogLogger.constructor | gormleaf/logger.go:49-52 | the logger holds the given sink and configuration |
| GormLogger.SlogLogger.LogMode | gormleaf/logger.go:55-58 | sets the level in the shared configuration, changes nothing else and returns the same logger |
| GormLogger.SlogLogger.InfoMsg | gormleaf/logger.go:61-65 | an info record exactly when the level is Info or above |
| GormLogger.SlogLogger.WarnMsg | gormleaf/logger.go:68-72 | a warning record exactly when the level is Warn or above |
| GormLogger.SlogLogger.ErrorMsg | gormleaf/logger.go:75-79 | an error record exactly when the level is Error or above |
| GormLogger.SlogLogger.Trace | gormleaf/logger.go:82-118 | the SQL callback is called exactly when the level is above Silent, and the record written is TraceRecord's |
| GormLogger.SlogLoggerBuilder.constructor | gormleaf/logger.go:18-28 | defaults: a debug-level sink, a 200ms slow threshold, level Warn, record-not-found reported, colours on |
| GormLogger.SlogLoggerBuilder.Logger | gormleaf/logger.go:30-36 | panics exactly for a sink not enabled at debug, and sets the sink otherwise |
| GormLogger.SlogLoggerBuilder.Config | gormleaf/logger.go:38-41 | sets the configuration pointer and keeps the sink |
| GormLogger.SlogLoggerBuilder.Build | gormleaf/logger.go:43-45 | returns the builder's own logger |
| GormLogger.SilentWritesNothing | gormleaf/logger.go:83-85 | at Silent or below, Trace writes nothing |
| GormLogger.TraceDecision | gormleaf/logger.go:102-115 | an error record exactly when the error is to be reported; else a slow warning exactly when the query is slow; else an info record exactly at Info or above; else nothing |
| GormLogger.TraceEdges | gormleaf/logger.go:103-107 | the ignore flag hides only record-not-found errors; a query exactly at the threshold is not slow; a zero threshold disables the slow check |
| GormLogger.TraceAttributes | gormleaf/logger.go:93-106 | a record's attributes are elapsed, then SQL, then rows exactly when they are not -1, then the error text exactly for an error record |
| GormLogger.LogModeChangesCallersConfig | gormleaf/logger.go:38-58 | LogMode on a built logger changes the configuration the caller passed in |
| Handler.AssertHandler | extension/gin/handler/handler.go:147-178 | returns without a panic only for a function of one or two arguments whose first is *gin.Context, with at most two results |
| Handler.InputAsWritten | extension/gin/handler/handler.go:73-88 | the input closure as written panics exactly for a second argument that is not a pointer; for a pointer second argument it fails with the Bind error wrapped as "failed to bind request" exactly when Bind fails; otherwise it passes the context alone, fewer arguments than a two-argument handler takes |
| Handler.Input | extension/gin/handler/handler.go:73-88 | the corrected closure has the same panic case, and for a pointer second argument fails with the wrapped Bind error exactly when Bind fails; otherwise it passes one argument per parameter: the context, then the bound request |
| Handler.AcceptedShapes | extension/gin/handler/handler.go:147-178 | assertHandler accepts a value exactly when it has one of the six handler shapes |
| Handler.AcceptedHasShape | extension/gin/handler/handler.go:147-178 | an accepted handler has one of the six shapes |
| Handler.HandlerManager.constructor | extension/gin/handler/handler.go:54-56 | the manager holds the given error handler |
| Handler.HandlerManager.CallErrorHandler | extension/gin/handler/handler.go:58-64 | a nil error handler does nothing; otherwise the handler is called with the phase and error |
| Handler.HandlerManager.Dispatch | extension/gin/handler/handler.go:96-132 | given the arguments built, the call and the routing of its results are Respond's |
| Handler.HandlerManager.ServeAsWritten | extension/gin/handler/handler.go:73-132 | serving one request with the input closure as written |
| Handler.HandlerManager.Serve | extension/gin/handler/handler.go:73-132 | serving one request with the bound request passed to the function |
| Handler.HandlerManagerBuilder.constructor | extension/gin/handler/handler.go:23-36 | a new manager has the default error handler |
| Handler.HandlerManagerBuilder.ErrorHandler | extension/gin/handler/handler.go:38-40 | sets the error handler, possibly to nil |
| Handler.HandlerManagerBuilder.Build | extension/gin/handler/handler.go:42-44 | returns the builder's own manager |
| Handler.DefaultErrorStatus | extension/gin/handler/handler.go:26-33 | the default handler aborts with 400 for a failed bind and 500 otherwise; a nil handler does nothing |
| Handler.BindFailureReported | extension/gin/handler/handler.go:82-84 | a failed bind reports the bind phase with the wrapped error, and the function is not called |
| Handler.ServeCallsWithRequest | extension/gin/handler/handler.go:73-102 | with the request passed on, a successful bind calls the function with the context and the request, without panicking |
| Handler.AsWrittenTwoArgumentsPanic | extension/gin/handler/handler.go:73-102 | as written, a two-argument function panics at the call after a successful bind and is never run |
| Handler.OneArgumentUnaffected | extension/gin/handler/handler.go:73-88 | a one-argument function gets the same input as written and as corrected |
| Handler.ExecAndResp | extension/gin/handler/handler.go:104-131 | with no result nothing is reported; an error result is reported in the exec phase; otherwise the response's Resp runs for a two-result function, and its error is reported in the resp phase |

## Left out

- Floating-point and complex hooks: ParseFloat and ParseComplex are not computed; those hooks' outcome is `Unparsed`.
- The library hooks mapstructure supplies (durations, times, IP addresses, slices, OrCompose) are kept by name and argument only. Their behaviour is a parameter.
- Values a hook returns beside an error are not modelled, because the composition discards them. So the truncating casts such as `int8(i64)` after an error are not modelled either.
- Strings that are not valid UTF-8 are not modelled: a Go string is modelled as a sequence of Unicode scalar values, so a lone byte from 0x80 to 0xFF cannot be written. This affects the four members below.
- Strconv.ByteLenOne: holds for valid UTF-8 strings only; in Go, `len(s) == 1` also holds for a lone byte from 0x80 to 0xFF.
- Hooks.Recover: the single-byte fallback never sees a lone byte from 0x80 to 0xFF, and the single-rune fallback never sees invalid UTF-8. Go's `[]rune(s)` turns such a byte into U+FFFD.
- Hooks.SingleByteHookCorrect: covers valid UTF-8 strings only. For a lone byte from 0x80 to 0xFF, extension/gin/binding/mapstructure.go:110-111 returns that byte, which the model cannot express.
- Hooks.SingleRuneHookCorrect: covers valid UTF-8 strings only. For a lone invalid byte, extension/gin/binding/mapstructure.go:169-171 returns U+FFFD, which the model cannot express.
- Named string types are not modelled: a hook's source kind is the kind of the data value.
- Bit size 1 is not modelled.
- A 64-bit platform is assumed for `int` and `uint`.
- The digit loop multiplies by repeated addition, which Strconv.MulIsProduct proves equal to the product; this keeps the proofs free of nonlinear arithmetic.
- Self-referential struct types are not modelled: a type is an inductive datatype, and on such a type the readers would not terminate.
- Any I/O is left out, the model taking each outcome as a parameter. This covers koanf's providers (structs, env, file and dotenv), the check for the dotenv file's existence, lookups of the process environment, and everything slog writes.
- KoanfLoader.ToLower: lower-cases ASCII letters only, not all of Unicode as strings.ToLower does.
- KoanfLoader.ConfigLoader.Load: records the log message of each completed phase, not the logged key/value arguments.
- GormLogger.SlogLogger.Trace: the elapsed time is a parameter in place of the clock, and the "SLOW SQL >= %v" duration formatting is kept symbolic.
- GormLogger.SlogLogger.InfoMsg: takes the message already formatted by fmt.Sprintf.
- ginleaf's structs binding and gin's own bindings are library code. What they do to a request is a parameter.
- The gin context is reduced to the request and the path parameters.
- In the handler manager, reflection is reduced to a description of each argument and result type.
- In the handler manager, every second argument that is not a pointer is modelled as a panic. In Go, `Elem` at extension/gin/handler/handler.go:79 panics for a struct or other type without an element type. For a named slice, map, array or chan type, `Elem` succeeds and the panic comes from the type assertion at line 80. There is no panic at all when a pointer to the element type has a Bind method, a case the model does not cover.
- In the handler manager, a typed nil error result counts as an error; a nil pointer response still has Resp called, since the interface is never nil.
- In the handler manager, a panic inside the function body or in Resp is not modelled.
- The error wrapping library is modelled as a message with a cause; stack traces are not.

## Findings

| source | as written | input that shows it | evidently intended | confidence | as-written member | corrected member |
|---|---|---|---|---|---|---|
| extension/gin/handler/handler.go:78-86 | the input closure binds the request but never appends it to `in`, so a two-argument handler is called with the context alone | any handler `func(c *gin.Context, *Req) ...` whose request's Bind returns nil: `v.Call(in)` at line 102 panics on the argument count | append the bound request after the context, so the handler is called with (c, req) | not executed | Handler.HandlerManager.ServeAsWritten, Handler.AsWrittenTwoArgumentsPanic | Handler.HandlerManager.Serve, Handler.ServeCallsWithRequest |
