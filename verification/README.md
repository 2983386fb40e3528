# SimpleLogger dispatch, in Dafny

A model of the `Logger` of SimpleLogger, a small Swift logging utility. Callers
register a list of *topic messages* (each with an `id`, a `title` and an
`icon`) and an optional default topic with `setup`; each `output` call then
decides which topic, if any, to print the payload under, and prints one line
`<icon> <title>\t\t<HH:mm:ss.SSS>\t\t<payload>`.

The model is functional:

- `Topics` — `TopicMessage`, the record of `id`, `title` and `icon` that
  callers register and pass (Sources/SimpleLogger/LoggerTopicMessage.swift:8-12).
- `Storage` — the configuration record `LoggerStorage` with its topic list
  and optional default (Sources/SimpleLogger/LoggerStorage.swift:8-14), the
  constant `Initial` for its starting values, an empty list and no default
  (Sources/SimpleLogger/LoggerStorage.swift:11-12), and `Setup`, which
  overwrites it. The Swift static singleton becomes an explicit value.
- `TimeFormat` — the `HH:mm:ss.SSS` timestamp (zero-padded hour 00-23,
  minute, second, millisecond, as Unicode Technical Standard #35 date field
  patterns define them) and a parser that inverts it.
- `Logger` — `Select` (which topic a call renders with), `Render` (the line),
  its inverse `Unrender`, and `Output`, the state-transition method that
  returns the line that would be printed and the unchanged storage. The id
  lookup `contains(where:)` appears both as a recursive function and as the
  loop `Contains`.
- `Session` — runs a sequence of `setup`/`output` calls and states what they
  do together: for calls made one after another, with topic messages that
  are immutable values, the storage is always what the last `setup` wrote.

What the code does, and so what the model does:

- An explicit topic is checked only by `id` against the registered list
  (Sources/SimpleLogger/Logger.swift:19). If no registered entry has that
  id, the call returns without printing and does not fall back to the
  default (Sources/SimpleLogger/Logger.swift:18-19).
- When the id is registered, the passed topic itself is printed, with its own
  icon and title, not those of the registered entry
  (Sources/SimpleLogger/Logger.swift:20).
- With no explicit topic, the default is printed if one is set, without
  checking that it is registered (Sources/SimpleLogger/Logger.swift:21-22).
- `Logger` reads no per-topic console or file flags: every selected topic is
  printed (Sources/SimpleLogger/Logger.swift:26-30).

## Model

| member | source | states |
|---|---|---|
| Storage.Setup | Sources/SimpleLogger/Logger.swift:12-15 | after setup the stored topic list and default are exactly the arguments, including a cleared default |
| Storage.SetupForgetsPrevious | Sources/SimpleLogger/Logger.swift:12-15 | the state after setup does not depend on the state before it |
| Storage.SetupLastWins | Sources/SimpleLogger/Logger.swift:12-15 | of two setups the second one's values remain; repeating a setup changes nothing |
| Logger.ContainsId | Sources/SimpleLogger/Logger.swift:19 | the front-to-back id scan is true exactly when some registered entry has the id |
| Logger.Contains | Sources/SimpleLogger/Logger.swift:19 | the `contains(where:)` loop returns true exactly when some registered entry has the id |
| Logger.SelectByIdOnly | Sources/SimpleLogger/Logger.swift:19 | selection of an explicit topic depends only on the registered ids, not on registered titles or icons |
| Logger.Select | Sources/SimpleLogger/Logger.swift:17-24 | an explicit topic is selected iff its id is registered, and then as passed; with no explicit topic the result is the default, registered or not |
| Logger.InitialEmitsNothing | Sources/SimpleLogger/LoggerStorage.swift:11-12 | in the initial state (no topics, no default) nothing is selected, with or without an explicit topic |
| Logger.UnregisteredNoFallback | Sources/SimpleLogger/Logger.swift:18-19 | an explicit topic with an unregistered id selects nothing even when a default is set |
| Logger.PassedTopicWins | Sources/SimpleLogger/Logger.swift:19-20 | when a registered entry shares the id, the passed topic itself is selected, so its own icon and title are printed |
| Logger.DefaultUsed | Sources/SimpleLogger/Logger.swift:21-23 | with no explicit topic the default is selected if set, and nothing otherwise |
| Logger.Render | Sources/SimpleLogger/Logger.swift:26-30 | the line is icon, a space, title, two tab characters, the timestamp, two tab characters, payload, at fixed offsets, 17 characters longer than icon, title and payload |
| Logger.RenderUnrender | Sources/SimpleLogger/Logger.swift:30 | for a known topic, the time and payload are recovered from the rendered line |
| Logger.UnrenderRender | Sources/SimpleLogger/Logger.swift:30 | every line whose icon, title, separators and timestamp are laid out as for the topic is exactly the rendering of the time and payload read from it |
| Logger.RenderInjective | Sources/SimpleLogger/Logger.swift:30 | two lines for one topic are equal only if their times and payloads are |
| Logger.Output | Sources/SimpleLogger/Logger.swift:17-31 | exactly one line is emitted iff the explicit topic's id is registered or, with none passed, a default is set; the line is the rendering of the topic `Select` picks; storage is unchanged |
| TimeFormat.FormatTime | Sources/SimpleLogger/Logger.swift:27-29 | the timestamp has 12 characters, ':' at 2 and 5, '.' at 8 and digits elsewhere |
| TimeFormat.PadRoundTrip | Sources/SimpleLogger/Logger.swift:28 | a zero-padded field reads back as the number it pads |
| TimeFormat.FormatParse | Sources/SimpleLogger/Logger.swift:27-29 | every timestamp parses back to the time it was rendered from |
| TimeFormat.ParseFormat | Sources/SimpleLogger/Logger.swift:27-29 | every string that parses is exactly the rendering of its time |
| TimeFormat.FormatInjective | Sources/SimpleLogger/Logger.swift:27-29 | distinct times give distinct timestamps |
| Session.Step | Sources/SimpleLogger/Logger.swift:12-24 | a setup call writes exactly its arguments and emits nothing; an output call keeps the storage and emits one line exactly when a topic is selected |
| Session.Apply | Sources/SimpleLogger/Logger.swift:12-24 | carrying out a call with `Setup` and the `Output` method gives the storage and lines `Step` describes |
| Session.StorageIsLastSetup | Sources/SimpleLogger/Logger.swift:12-24 | after any sequence of calls the storage is what the last setup wrote, or the starting state if none |
| Session.OutputsKeepStorage | Sources/SimpleLogger/Logger.swift:17-24 | output calls alone never change the storage |
| Session.AtMostOneLinePerOutput | Sources/SimpleLogger/Logger.swift:17-24 | each output emits at most one line and setup emits none |
| Session.InitialOutputsSilent | Sources/SimpleLogger/LoggerStorage.swift:11-12 | from the initial state, any run of outputs emits nothing |

## Left out

- Console `print` (Logger.swift:30): I/O; `Output` returns the line instead.
- `Date()` and `DateFormatter` (Logger.swift:27-29): the wall clock and a library formatter; the time of day is an argument. Locale and time-zone effects on the rendering are not modelled.
- Stringification of the `Any` payload (Logger.swift:17, 30): reflection-based; the payload is taken as already-rendered text.
- The static singleton `LoggerStorage.shared` (LoggerStorage.swift:9): replaced by an explicit storage value passed in and returned.
- `maxCharaters` (LoggerStorage.swift:13): never read or written by `Logger`.
- `LoggerTopic` and `TopicConfiguration` (LoggerTopic.swift): not used by `Logger`; their defaults come from a `Constants` type that is not part of this model.
- Daily log-file rollover and retention deletion: no code for them is part of this model, and they are file-system I/O.
- Package.swift: build configuration only.
- Logger.ContainsId: ids are compared as sequences of Unicode scalar values, not by the canonical equivalence that Swift's `String ==` uses (Logger.swift:19), so an id such as "e" followed by a combining acute accent does not match a registered precomposed "é" here, though Swift would match it. Unicode normalisation is out of scope for this model.
- Logger.Contains: the same scalar-by-scalar id comparison as `Logger.ContainsId`.
- Logger.Select: inherits the scalar-by-scalar id comparison; a passed id that is only canonically equivalent to a registered one is dropped here, where Swift would print it.
- Logger.UnregisteredNoFallback: "no registered id equal" uses the scalar-by-scalar comparison, so it does not cover ids that are only canonically equivalent.
- Logger.Output: inherits the scalar-by-scalar id comparison through `Logger.Contains`.
- Logger.SelectByIdOnly: its hypothesis compares ids scalar by scalar, as `Logger.ContainsId` does.
- Session.StorageIsLastSetup: calls are modelled as sequential and each `setup` as one atomic step; Logger.swift:13-14 writes the two stored fields in separate unsynchronised statements to a process-wide static (LoggerStorage.swift:9), so a concurrent `output` can observe the new topic list with the old default. Concurrency is out of scope for this model; `Storage.Setup` and `Session.Run` carry the same sequential assumption. Topic messages are also modelled as immutable values: `LoggerTopicMessage` (LoggerTopicMessage.swift:8-12) can be adopted by a class, and `setup` then stores references (Logger.swift:13-14). If such an instance is changed after `setup`, or a computed `id`, `title` or `icon` returns different values on different reads, then what `output` matches (Logger.swift:19) and prints (Logger.swift:30) changes with no `setup` call. The model does not cover this.
- Storage.Setup: stores topic messages as values; a class-typed topic message mutated after `setup` changes the Swift storage's contents, which this model does not represent.
- Logger.Select: reads ids of value-typed topic messages; with a class-typed or computed-property conformer the id read at Logger.swift:19 may differ from the one registered, which this model does not represent.
- Logger.Output: renders the icon and title of value-typed topic messages; with a class-typed or computed-property conformer the icon and title read at Logger.swift:30 may differ from those at `setup`, which this model does not represent.
