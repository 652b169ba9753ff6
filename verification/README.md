# node-loggity in Dafny

node-loggity is a small structured logger for Node.js. Its factory takes a
service name, a level and some options. It returns a logger with
`debug`, `info`, `warning` (alias `warn`) and `error` methods, plus `build()`.

- Each method checks the configured level against a hard-coded list.
- When the check passes, the method assembles a record: `level`,
  `serviceName`, `time` and `caller`, then the payload.
- The record goes to a printer, as JSON text or as the object itself.
- `build()` returns a chained logger. Its `withField`/`withError` add
  properties to a shared state object, and its terminal methods log
  `{...state, msg}`.
- By default, the `caller` field comes from applying the pattern
  `.*\((.*)\)` to one trimmed line of a stack trace.

The model has six modules:

- `Values`: JavaScript values and plain objects. An object is an
  insertion-ordered list of properties. The module defines property
  assignment (`Assign`) and object spread (`Spread`), and proves where
  spread puts each key and which value it ends up with.
- `Levels`: level normalisation and validation, and the four gate lists.
  It proves the gate lists are one monotonic rank rule.
- `Caller`: `getCaller` as a pure function of the stack lines and the
  offset. The regular-expression search is specified by the predicate
  `Chosen`.
- `Records`: the record built by `log`, and the payload of a chained call.
- `Logging`: the logger and the chained logger, as classes.
  - The printer is the logger's `trace` of outputs.
  - The chained logger's state is a `PlainObject` that `withField` changes
    in place. That object is the one passed to `build`, so the caller can
    see the changes.
  - Each logging call receives a `CallSite`: the time the clock returns,
    the lines of the stack, and what a custom caller identifier returns
    at that call.
- `Scenarios`: the records that the inputs of the repository's test suite
  produce.

A chained call logs `{...state, ...{msg}}`. The call's payload is
therefore nested under `msg`, whatever its type. Only a state property
named `msg` is overwritten, and it keeps its position.

## Model

| member | source | states |
|---|---|---|
| `Levels.CheckLevel` | index.js:24-30 | Construction succeeds iff the normalised level is one of ERROR, WARN, WARNING, INFO, DEBUG. On failure, the message is `Invalid log level '<X>'` with X the normalised level. |
| `Levels.CheckLevelCaseInsensitive` | index.js:26 | A string level is accepted or rejected, and stored, exactly as its upper-case form is. |
| `Levels.NonStringLevelRejected` | index.js:26-30 | A level that is neither a string nor missing becomes `''` and is rejected with `Invalid log level ''`. |
| `Levels.CheckLevelExamples` | test/index.js:9-18 | `UNKNOWN` is rejected with the expected message. `info` is accepted as `INFO`, and a missing level defaults to `INFO`. |
| `Levels.ToUpperIdempotent` | index.js:26 | Upper-casing is idempotent, so normalising twice changes nothing. |
| `Levels.Admits` | index.js:62-84 | Membership in a method's hard-coded list holds iff the call's rank (DEBUG < INFO < WARN = WARNING < ERROR) is at least the configured rank. |
| `Levels.GateTable` | index.js:62-84 | `debug` passes only under DEBUG, `info` under DEBUG or INFO, `warning` under anything but ERROR, and `error` always. |
| `Levels.AdmitsMonotone` | index.js:62-84 | A louder call, or a more verbose configuration, never turns an emitted call into a suppressed one. |
| `Caller.TrimBounds` | index.js:10 | `trim` keeps a slice that neither starts nor ends with white space. Everything it drops is white space. |
| `Caller.Match` | index.js:9-11 | The pattern's capture is the chosen pair: on the first line that holds a `(` followed by a `)`, the last such `(` and the last `)` after it. There is no match iff no such pair exists. |
| `Caller.GetCaller` | index.js:3-14 | Returns nothing when the stack has fewer than offset+1 lines. Otherwise it returns nothing iff the trimmed line has no pair, and else the text strictly between the chosen pair. |
| `Caller.ChosenUnique` | index.js:9-12 | The chosen pair is unique, so the capture is determined. |
| `Caller.CaptureShape` | index.js:9-12 | The capture contains no `(` and no line terminator, and no `)` follows the closing one on its line. |
| `Caller.GetCallerOfChosen` | index.js:9-12 | Any pair shown to be the chosen one on the offset line determines the returned caller. |
| `Caller.GetCallerFrame` | index.js:3-14 | On a frame line `  at f (a.js:3)`, the caller is `a.js:3`. |
| `Caller.GetCallerGreedy` | index.js:9-12 | On `g (x (y) z)`, the caller is `y) z`: the capture runs from the last `(` to the final `)`. |
| `Values.Find` | index.js:95 | Finds the last position holding a key, and nothing iff the key is absent. |
| `Values.AssignSpec` | index.js:95 | `o[k] = v` keeps an existing key's position, appends a new key last, and makes `k` read `v`. Every other key reads as before, and distinct keys stay distinct. |
| `Values.SpreadKeys` | index.js:52 | After a spread, the existing keys keep their order. The spread object's new keys follow, in order of first occurrence. |
| `Values.SpreadLookup` | index.js:52 | After a spread, a key of the spread object reads the spread object's value. Every other key reads its earlier value. |
| `Values.SpreadFresh` | index.js:52 | Spreading properties that are all new appends them unchanged. |
| `Values.SpreadPreservesDistinct` | index.js:52 | Spread never duplicates a key. |
| `Values.NewKeysMembers` | index.js:52 | The appended keys are exactly the spread object's keys that were not present. |
| `Values.NewKeysOrder` | index.js:52 | The appended keys occur once each, in the order in which they first occur in the spread object. |
| `Records.MakeRecord` | index.js:40-53 | Every record starts with `level, serviceName, time, caller` and has distinct keys. |
| `Records.RecordKeys` | index.js:40-53 | A record's keys are the base keys, plus `msg` for a string payload or the payload's keys for an object payload, and nothing else. |
| `Records.TextRecord` | index.js:48-50 | A string payload adds exactly one key, `msg`, last, holding the string. `level` holds the method's name. |
| `Records.FieldsRecordKeys` | index.js:51-53 | An object payload's keys replace base keys in place or are appended in payload order, and `msg` appears only if the payload has it. |
| `Records.FieldsRecordLookup` | index.js:51-53 | In a record with an object payload, each payload key has the payload's value. Every other key keeps its base value. |
| `Records.OtherRecord` | index.js:40-53 | A payload that is neither a string nor an object gives the base record alone. |
| `Records.ChainedPayloadKeys` | index.js:88-91 | `{...state, msg}` has the state's keys in state order, then `msg` unless the state already has it. |
| `Records.ChainedRecord` | index.js:88-91 | In a chained call's record, `msg` holds the call's payload (an object payload is nested, not spread). Every other state key holds its state value. |
| `Records.ChainedRecordKeys` | index.js:88-91 | When no state key is a base key, a chained record lists the base keys, then the state keys in order, then `msg` unless the state has it. |
| `Logging.ResolveCaller` | index.js:45 | The default identifier gives `getCaller`'s text, or `undefined` exactly when `getCaller` finds nothing. A custom identifier gives what it returned at this call. |
| `Logging.RecordCaller` | index.js:41-46 | Every record holds the caller resolved at its own call, unless an object payload sets `caller` itself. |
| `Logging.Logger.Log` | index.js:40-60 | Calls the printer exactly once, with the record serialised when `stringifyOutput` is set and the record object otherwise. |
| `Logging.Logger.Debug` | index.js:62-66 | Appends the `debug` record to the trace iff the configured level admits DEBUG. Otherwise the trace is unchanged. |
| `Logging.Logger.Info` | index.js:68-72 | Appends the `info` record iff the configured rank is at most INFO. |
| `Logging.Logger.Warning` | index.js:74-78 | Appends the `warning` record iff the configured level is not ERROR. |
| `Logging.Logger.Warn` | index.js:115 | `warn` behaves exactly as `warning`, including the `level` value `warning`. |
| `Logging.Logger.Error` | index.js:80-84 | Always appends the `error` record. |
| `Logging.Logger.Build` | index.js:86 | Returns a chained logger over the object passed in (shared, not copied), or over a fresh empty object. |
| `Logging.ChainedLogger.WithField` | index.js:94-97 | Performs `state[k] = v` on the shared state and returns the same chained logger. |
| `Logging.ChainedLogger.WithError` | index.js:99-103 | Sets `error` to the error's text, then `stack` to its stack, and returns the same chained logger. |
| `Logging.ChainedLogger.Debug` | index.js:88 | Logs `{...state, msg}` through `debug`, under the same gate, and leaves the state unchanged. |
| `Logging.ChainedLogger.Info` | index.js:89 | Logs `{...state, msg}` through `info` and leaves the state unchanged. |
| `Logging.ChainedLogger.Warning` | index.js:90 | Logs `{...state, msg}` through `warning` and leaves the state unchanged. |
| `Logging.ChainedLogger.Error` | index.js:91 | Logs `{...state, msg}` through `error` and leaves the state unchanged. |
| `Logging.CreateLogger` | index.js:24-38 | Fails iff the level is invalid, with the thrown message. Otherwise it returns a logger with an empty trace, the normalised level, and each option taken from the caller or else from the defaults (offset 4, stringified output, the stack walker). |
| `Scenarios.StringPayloadRecord` | test/index.js:135-155 | `info('test')` gives exactly `level, serviceName, time, caller, msg`, in that order. |
| `Scenarios.ObjectPayloadRecord` | test/index.js:157-181 | An object payload's properties follow the base keys at the top level, in payload order. |
| `Scenarios.ChainedCallRecord` | test/index.js:185-211 | A chained call over `myProp1` and `myProp2` gives the base keys, both fields, then `msg`. |
| `Scenarios.ChainReuse` | test/index.js:213-241 | An object payload of a chained `info` call is nested under `msg`, as the test expects. The model's own addition is a `debug` call made first on the same chain: both records carry the accumulated fields. |

## Left out

- Capturing the live stack (`new Error().stack`), `console.log` and
  `new Date()` are runtime services. The stack lines and the time are
  inputs of each call (`CallSite`), and the printer is the logger's
  `trace`.
- The `logPrinter` and `currentTimeGenerator` options are not modelled as
  options. They are the `trace` and `CallSite.now`. The
  `callerFuncIdentifier` option is `CallerSource.Custom`. The value it
  returns at each call is `CallSite.identified`, so its dependence on the
  offset is not modelled.
- The text `JSON.stringify` produces is not modelled. `Stringified(record)`
  stands for it: equal records give equal texts, but not the other way
  round. `JSON.stringify` drops properties whose value is `undefined` or a
  function. Examples are `caller` when `getCaller` finds nothing and
  `serviceName` when it is missing. `Stringified` keeps them.
  `JSON.stringify` throws on cyclic objects and on BigInt values, and then
  the printer is not called. The model always appends the output.
- Upper-casing handles ASCII letters, dotless i (U+0131) and long s
  (U+017F). Other characters are kept, including those whose upper case is
  several letters (`ß` to `SS`, `ﬁ` to `FI`, `ﬀ` to `FF`, `ﬅ` to `ST`,
  and so on). None of these expansions occurs inside ERROR, WARN, WARNING,
  INFO or DEBUG. So a string with such a character is rejected both by the
  source and by the model, and which levels are accepted is exact. Only
  the level text in the error message may differ from JavaScript's.
- Array-index property names (canonical integers below 2^32-1) are left
  out, because JavaScript lists them before all other keys. Payloads, state
  and `withField` keys are required to be free of them, and `withField`
  also excludes `__proto__`.
- The source spreads an array payload: `typeof` gives `'object'`, and the
  array's index properties go before `level`. The model represents an array
  as `Other` and gives the base record. A `null` payload is spread in the
  source too, but adds nothing, so `Null` giving the base record is exact.
- `build(null)` is not modelled. In `Build`, `null` stands for a missing
  argument, which gets the default `{}`. With an explicit `null`, the
  terminal calls log `{msg}` and `withField` throws.
- A negative or non-integer `callerOffset`, a non-boolean
  `stringifyOutput`, and options that are present but `undefined` are left
  out. The offset is a `nat`, and the flag is a `bool` or absent.
- `WithError` takes an error-like value, its text and its `stack`. Calling
  `withError` with `null`, which throws in the source, is not modelled.
- Objects nested inside values are values. Aliasing between a nested
  object and the state is not modelled, only the aliasing of the state
  object itself.
- The chained logger has no `warn` method, and neither does the model.
