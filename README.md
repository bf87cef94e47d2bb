# promise-path `run` — a Dafny model of the command runner

`lib/path/run.js` turns a command line such as `cat "the file name"` into a call of
`child_process.spawn`, collects the child's standard output and error, and settles a
Promise with the record `{error, exitCode, stdout, stderr}`. This project models that
file in five modules plus a small `Wrappers` helper, with the host state (`process.platform`, `process.env`,
`process.cwd()`) passed in as a `Host` value:

- `Tokenizer` — `joinQuotes`: one pass over the space-split arguments that glues a
  quoted argument's words back together, quotes kept. `JoinQuotes` is the loop as
  written, with its `result` and `compressedArgs` local variables. It is proved equal to the
  fold `Joined`, and the lemmas characterise `Joined`. Any well-formed arrangement of
  plain tokens, quoted runs and unclosed runs yields one argument per plain token and
  per quoted run (`SegmentsJoined`). A stray closing quote throws (`StrayCloseThrows`).
- `Text` — `split(' ')` and `join(' ')`, with both round trips proved.
- `Environment` — `apply`: the overrides are written key by key over a copy of the
  ambient environment. `Apply` is the loop, and `Overlay` states what it computes.
  The override map is a value, so it cannot be changed.
- `Command` — the preparation in `runCommand` before the spawn: the working-directory
  default, the environment merge, and the `comspec /c` wrapper on Windows. Then the
  line is split: its first piece is the executable and only the rest goes through
  `joinQuotes`. `PrepareRun` is the statements in order, proved equal to `Prepared`.
- `Aggregator` — the `result` record as the class `ProcessResult`, with its four
  listeners. A one-shot `settled` field stands for the Promise: the first of `error`
  and `exit` decides between reject and resolve, and later events still update the
  shared record. `Replay` is the record after any event sequence. The lemmas give its
  every field in terms of the events: the chunks in order, the first terminal event,
  and the last exit code and last error. Each listener keeps the invariant that the
  record equals the replay of the events it has received.

Sharp edges of `run.js` that the model keeps:
- A quote-opening token restarts the group even when one is already open, discarding
  the earlier partial group.
- A closing-quote token with no open group throws (`false.join` at line 18); it is not
  silently accepted.
- Off Windows, the executable is taken before `joinQuotes` runs, so it is never
  quote-joined. A quoted executable with a space therefore throws
  (`QuotedExecutableThrows`). On Windows the whole command follows `/c` through
  `joinQuotes`, so the name is joined (`WindowsWrapsInInterpreter`).
- Output arriving after `exit` is still appended to the (already resolved) record.

## Model

| member | source | states |
|---|---|---|
| Tokenizer.JoinQuotes | lib/path/run.js:4-24 | the loop returns exactly `Joined(args)`: the arguments, or the throw |
| Tokenizer.PlainArgsUnchanged | lib/path/run.js:8-14 | if no token starts or ends with `"`, the output is the input unchanged, in order, empty tokens included |
| Tokenizer.PlainTokensPass | lib/path/run.js:13-14 | with no group open, plain tokens are pushed one by one in order |
| Tokenizer.GroupAbsorbs | lib/path/run.js:11-12 | with a group open, plain tokens are added to the group and nothing is emitted |
| Tokenizer.QuotedRunJoined | lib/path/run.js:9-20 | a run from a `"`-opening token to the next `"`-closing token emits one token: the run joined by single spaces, quotes kept; a group already open is discarded |
| Tokenizer.UnclosedRunKept | lib/path/run.js:7-12 | a run whose quote never closes emits nothing and stays in the open group |
| Tokenizer.PlainTokenFirst | lib/path/run.js:13-14 | a plain first token is output first, ahead of whatever the rest joins to, and the rest fails exactly when the whole does |
| Tokenizer.FoldKeepsPrefix | lib/path/run.js:5-23 | tokens already in `result` are never changed by later iterations |
| Tokenizer.FoldAppend | lib/path/run.js:8-21 | the pass over `a + b` is the pass over `a`, then over `b` from the state reached |
| Tokenizer.SegmentFold | lib/path/run.js:8-21 | the effect of one plain token, quoted run or unclosed run on `result` and the open group |
| Tokenizer.SegmentsFold | lib/path/run.js:8-21 | from any state the segments may follow, the pass succeeds and appends one argument per plain token and quoted run |
| Tokenizer.SegmentsJoined | lib/path/run.js:4-24 | on any well-formed mix of plain tokens, quoted runs and unclosed runs, the output is the plain tokens and joined runs in order; unclosed runs are dropped |
| Tokenizer.StrayCloseThrows | lib/path/run.js:13-18 | a token ending but not starting with `"`, seen with no group open, throws whatever follows |
| Tokenizer.PlainThenStrayClose | lib/path/run.js:13-18 | plain tokens followed by a token that ends but does not start with `"` throw, naming that token, whatever follows |
| Tokenizer.FailureNamesStrayClose | lib/path/run.js:13-18 | every throw names a token of the input that ends but does not start with `"` |
| Tokenizer.QuotedFileNameArgument | test/api-spec.js:154-164 | the words `"the`, `file`, `name"` become the single argument `"the file name"` |
| Tokenizer.SingleQuotedArgument | test/api-spec.js:166-176 | `"nospacequote"` is passed as it is, quotes kept |
| Text.SplitSpace | lib/path/run.js:49 | a split has at least one piece and no piece contains a space |
| Text.JoinSplit | lib/path/run.js:49 | joining the pieces of a split with single spaces gives the original string |
| Text.SplitJoin | lib/path/run.js:18 | splitting the single-space join of space-free parts gives the parts back |
| Text.SplitAfterWord | lib/path/run.js:49-50 | a space-free first word followed by a space is split off as exactly the first piece |
| Text.SplitWord | lib/path/run.js:49 | a space-free string splits into itself alone |
| Text.JoinSpaceAppend | lib/path/run.js:18 | joining a concatenation puts exactly one space at the seam |
| Text.SplitAround | lib/path/run.js:31 | splitting `a + ' ' + b` splits `a` and `b` separately |
| Environment.Overlay | lib/path/run.js:73-79 | the keys are the ambient keys plus the override keys; every override wins; every ambient key not overridden keeps its value; nothing is removed |
| Environment.Apply | lib/path/run.js:73-79 | writing the keys one at a time, in any order, yields exactly the overlay |
| Command.PrepareRun | lib/path/run.js:26-56 | the statements before the spawn produce exactly `Prepared`: the first piece of the (wrapped) line as executable, only the rest through `joinQuotes`, the defaulted cwd, the merged environment, or the throw |
| Command.UnquotedCommandSplitsNaively | lib/path/run.js:49-56 | off Windows, with no quotes at token ends, executable plus arguments is the naive space split, and joining them back gives the command |
| Command.ExecutableNeverJoined | lib/path/run.js:49-56 | off Windows, the first word is the executable as it stands, and only the words after it go through `joinQuotes` |
| Command.WindowsLinePieces | lib/path/run.js:30-32 | on Windows the line splits into the interpreter path's pieces, `/c`, then the command's pieces |
| Command.WindowsWrapsInInterpreter | lib/path/run.js:30-32 | on Windows with a space-free interpreter path, that path is the executable, `/c` the first argument, and the whole command, first word included, goes through `joinQuotes` |
| Command.QuotedExecutableThrows | lib/path/run.js:49-56 | off Windows, a quoted executable name of two or more words (`"my prog"`, `"my big prog" x`) throws before the spawn, naming its closing word, whatever words follow it |
| Command.QuotedFileNameCommand | test/api-spec.js:154-164 | `cat "the file name"` spawns `cat` with the one argument `"the file name"`, in the current directory, with the ambient environment |
| Aggregator.ReplaySnoc | lib/path/run.js:41-47 | one more event after a sequence is one more listener call on the record |
| Aggregator.ReplayStdout | lib/path/run.js:41-43 | `stdout` gains exactly the stdout chunks, in arrival order, whatever interleaves |
| Aggregator.ReplayStderr | lib/path/run.js:45-47 | `stderr` gains exactly the stderr chunks, in arrival order, whatever interleaves |
| Aggregator.ReplaySettlement | lib/path/run.js:58-67 | the first of `error` and `exit` decides reject or resolve, and a settled Promise never changes |
| Aggregator.ReplayExitCode | lib/path/run.js:64-66 | `exitCode` is the code of the last `exit`, and is unchanged without one |
| Aggregator.ReplayError | lib/path/run.js:61-63 | `error` is the last `error` event's error, and is unchanged without one |
| Aggregator.ReplayFromInitial | lib/path/run.js:34-47 | from `{null, 0, '', ''}` the final record is given field by field by the events, for any order |
| Aggregator.NoErrorEventNoError | lib/path/run.js:35 | without `error` events `error` stays at its initial value |
| Aggregator.NoExitEventNoCode | lib/path/run.js:36 | without `exit` events `exitCode` stays at its initial value |
| Aggregator.FirstTerminalWithoutErrors | lib/path/run.js:64-67 | with no `error` event the settlement is resolve exactly when some `exit` arrived |
| Aggregator.CleanExit | lib/path/run.js:64-67 | exit events and no error: resolved, `error` null, `stdout` all stdout chunks, even those after the exit |
| Aggregator.SpawnFailure | lib/path/run.js:61-63 | error events and no exit: rejected, `error` set, `exitCode` 0, the output so far kept |
| Aggregator.ErrorRejectsFirst | lib/path/run.js:61-63 | an `error` with no `exit` before it rejects, whatever follows |
| Aggregator.LastErrorPresent | lib/path/run.js:61-62 | after any `error` event, `error` is set |
| Aggregator.ProcessResult.constructor | lib/path/run.js:34-39 | the record starts as `{error: null, exitCode: 0, stdout: '', stderr: ''}`, pending |
| Aggregator.ProcessResult.OnStdout | lib/path/run.js:41-43 | appends the chunk to `stdout`, changes nothing else, keeps record = replay of events received |
| Aggregator.ProcessResult.OnStderr | lib/path/run.js:45-47 | appends the chunk to `stderr`, changes nothing else, keeps record = replay of events received |
| Aggregator.ProcessResult.OnError | lib/path/run.js:61-63 | sets `error`; rejects only if still pending; leaves `exitCode` and the output alone |
| Aggregator.ProcessResult.OnExit | lib/path/run.js:64-66 | sets `exitCode`; resolves only if still pending; leaves `error` and the output alone |
| Aggregator.ProcessResult.Dispatch | lib/path/run.js:60-69 | each event reaches the listener registered for it |

## Left out

- `child_process.spawn` and the Promise and event-emitter machinery: the process runs
  outside the model. Its events are an arbitrary sequence fed to the listeners.
  `settled` stands for the Promise's state.
- Reading `process.platform`, `process.env` and `process.cwd()`: these are the fields
  of `Host`. The source reads `process.platform` once, when the module loads
  (`run.js:1`). The model reads it on each call, which gives the same result because
  the platform never changes.
- `Object.create(process.env)`: the merge is a map overlay. The prototype chain and the
  aliasing of the returned `target` object are not modelled.
- Windows' case-insensitive lookup of `process.env.comspec`: `Comspec` looks up the
  key `comspec` exactly. When it is absent, `Comspec` gives the string `undefined`, as
  JavaScript's string concatenation does.
- Non-string environment values: Node converts them to strings inside `spawn`, which is
  not modelled, so values are strings.
- `StdoutData`/`StderrData` carry the text that `+=` decodes from one Buffer. A
  multi-byte character split between two chunks is not modelled. The source garbles
  such a character into replacement characters, because it decodes each chunk on its
  own.
- The `null` exit code Node reports for a signal-killed child: exit codes are integers.
- `cwd` and `env` are `Option` values. JavaScript falsy values other than `undefined`
  and `''` (`0`, `false`, `null`) are all treated as `None`.
- The thrown `TypeError` is modelled as `Failure(CloseWithoutOpen(token))`. The token
  it carries is the offending one; its message text is not modelled.
- `lib/path/fetch.js`, `api.js` and `examples.js`: an HTTP wrapper, a re-export table
  and a demo script, with no logic of their own here. The file-system helpers
  (clean, find, read, write, make, position) are not part of this model.
