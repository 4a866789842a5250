# Clipboard access on X11: event compression and backend selection

This project models the Unix half of a small Go clipboard package
(`clipboard_unix.go`). Three parts of it carry logic:

- **PropertyNotify compression** (`compressPropertyNotify`). The monitor gets a
  PropertyNotify event. It then walks the client's queue of pending X events. It
  picks the last error-free PropertyNotify with the same atom and window, removes
  every such entry from the queue, and sets the client's server time to the
  chosen event's time. The removals are registered with `defer` while walking.
  They run after the walk, last registered first, so each index still points at
  the entry it was registered for.
- **The monitor callback filter** (inside `monitorAll`). Only events on the
  interned `CLIP_TEMPORARY` atom with state 1 are compressed. All others are
  ignored.
- **Backend selection.** Package initialisation prefers `xclip`, then `xsel`. If
  neither is on the search path, `Unsupported` is set and the xsel argument lists
  stay in place. With `Primary` set, `getPasteCommand`/`getCopyCommand` cut the
  stored argument list down to the program name, and the cut persists.
  `readAll`/`writeAll` fail with the missing-commands error before building any
  command when `Unsupported` is set.

Modules:

- `Wrappers` (wrappers.dfy): `Option` and `Result`.
- `XEvents` (xevents.dfy): the event data and the `XUtil` class. `XUtil` holds the
  pending queue and the client time. Its methods `Peek`, `DequeueAt` and `TimeSet`
  behave as the X utility library does for these calls. That library is not part
  of this model, so their effect is stated from how the clipboard code uses them.
- `Compress` (compress.dfy): the specification functions `Matches`, `Filter`,
  `CountMatches` and `LastMatch`, the lemmas about them, the two-pass method
  `CompressPropertyNotify`, and the callback `OnPropertyNotify`.
- `Backend` (backend.dfy): the `Config` class. Its fields are the package
  variables `Primary`, `pasteCmdArgs`, `copyCmdArgs` and `Unsupported`. It has
  methods for initialisation, command building, reading and writing.

`LastMatch` is defined as a search from the back of the queue. The source comment
names that as the obvious alternative. `CompressPropertyNotify` walks forward, and
its postcondition proves that it yields the same event. `Filter` is the single
filter over the original queue. The method's postcondition proves that the
deferred removals, run highest index first, have exactly that effect.

Behaviour of the code worth knowing:

- The representative is the last match in queue order, whatever its time
  (`LastMatchIgnoresTime`).
- `monitorAll` has no debouncing, content comparison, delivery on `text` or
  cancellation: the callback prints the event and sleeps, and `quit` is never
  read.
- Compression matches on atom and window only. So the event the callback goes on
  with can have a state other than 1 (`CompressedStateMayDiffer`). In the X11 core
  protocol, state 1 of a PropertyNotify is `PropertyDelete`.

## Model

| member | source | states |
|---|---|---|
| `XEvents.XUtil.Peek` | clipboard_unix.go:131 | the walk runs over a snapshot equal to the pending queue at its start |
| `XEvents.XUtil.DequeueAt` | clipboard_unix.go:149 | removing index i keeps the entries before i and shifts the later ones left by one |
| `XEvents.XUtil.TimeSet` | clipboard_unix.go:158 | the client time becomes the given timestamp |
| `Compress.SameProperty` | clipboard_unix.go:139 | the compression key: two events agree on atom and on window |
| `Compress.Matches` | clipboard_unix.go:132-139 | a queue entry is taken exactly when it is not an error, is a PropertyNotify, and has the trigger's atom and window |
| `Compress.CountMatches` | clipboard_unix.go:131-150 | the number of entries compression takes is at most the queue length |
| `Compress.Filter` | clipboard_unix.go:131-152 | the queue after compression has exactly the non-matching entries (membership both ways) and is shorter by the number of matches |
| `Compress.LastMatch` | clipboard_unix.go:119-142 | the representative always has the trigger's atom and window |
| `Compress.FilterAppend` | clipboard_unix.go:131-152 | filtering a concatenation filters each part, so the kept entries keep their relative order |
| `Compress.FilterUnchanged` | clipboard_unix.go:132-139 | a queue with no matching entry (errors, other events, other atoms or windows) is left exactly as it is |
| `Compress.FilterIdempotent` | clipboard_unix.go:137-150 | compressing again for the same key removes nothing more: no match remains |
| `Compress.LastMatchNone` | clipboard_unix.go:119 | with no matching entry the trigger itself is returned |
| `Compress.LastMatchIsLast` | clipboard_unix.go:131-142 | with a match, the returned event is that of the last matching entry in queue order |
| `Compress.LastMatchIgnoresTime` | clipboard_unix.go:139-142 | a later entry with an older timestamp still wins: selection is by position, not time |
| `Compress.DequeueStep` | clipboard_unix.go:144-149 | one removal at a match below the already-compressed tail extends the compressed tail down to that index |
| `Compress.PopDeferred` | clipboard_unix.go:144-149 | the removal registered last targets a match above which, up to the compressed tail, nothing matches |
| `Compress.CleanPrefix` | clipboard_unix.go:131-152 | once the untouched front holds no match, the queue equals the single filter of the original |
| `Compress.CompressPropertyNotify` | clipboard_unix.go:110-161 | returns the last match in queue order, or the trigger; the queue becomes the original minus every match, in order, shorter by the match count; the client time is the returned event's time |
| `Compress.Relevant` | clipboard_unix.go:181-186 | the callback goes on only when the atom is the interned CLIP_TEMPORARY atom and the state is 1 |
| `Compress.OnPropertyNotify` | clipboard_unix.go:180-187 | an event whose atom is not CLIP_TEMPORARY or whose state is not 1 leaves the queue and time untouched; any other is compressed as above, and the result carries CLIP_TEMPORARY and the trigger's window |
| `Compress.CompressedStateMayDiffer` | clipboard_unix.go:181-187 | a relevant trigger can be compressed to an event that the filter itself would have ignored |
| `Backend.Config.constructor` | clipboard_unix.go:27-31 | before initialisation the variables hold their zero values |
| `Backend.Config.Init` | clipboard_unix.go:44-60 | xclip lists when xclip is on the path, else xsel lists; Unsupported is raised exactly when neither is found; both lists name the same program |
| `Backend.Config.GetPasteCommand` | clipboard_unix.go:62-67 | the command runs the stored program; with Primary the stored paste list is cut to the program name and the command has no arguments, otherwise both are unchanged |
| `Backend.Config.GetCopyCommand` | clipboard_unix.go:69-74 | the same for the copy list |
| `Backend.RepeatedPasteCommand` | clipboard_unix.go:62-66 | with Primary the cut persists and is idempotent: a second paste command equals the first; the configuration stays valid and only the paste list changes |
| `Backend.Config.ReadAll` | clipboard_unix.go:76-86 | when unsupported: the missing-commands error, no command built, no state change; otherwise the paste command's output or its failure; the missing-commands error occurs exactly when unsupported |
| `Backend.Config.WriteAll` | clipboard_unix.go:88-108 | when unsupported: the missing-commands error, no command built, no state change; otherwise the copy command's outcome for the text; the missing-commands error occurs exactly when unsupported |

## Left out

- The X connection, window creation, `Listen` and atom interning (clipboard_unix.go:164-176). These are library I/O. The interned atom is a parameter of `OnPropertyNotify`.
- Registering the callback for the root window with `PropertyNotifyFun(...).Connect` and running `xevent.Main` (clipboard_unix.go:179, 190-192). This is the library's event dispatch; `OnPropertyNotify` models one call of the callback.
- `X.Sync` and `xevent.Read` (clipboard_unix.go:115-116). Their effect is to bring all pending events into the queue, so the model takes the queue as given.
- `fmt.Println`, `time.Sleep(workTime)` and `log.Fatal` (clipboard_unix.go:166, 188-189). These are output, timing and process exit.
- Process execution in `readAll`/`writeAll`: command start, pipes, `Output`, `Wait` (clipboard_unix.go:81-107). The outcome of running a command is a function parameter, and the several error exits of `writeAll` are folded into one.
- `Backend.Config.WriteAll`: does not tell apart which of pipe creation, start, write, close or wait failed; it returns the one outcome the parameter gives.
- `exec.LookPath` (clipboard_unix.go:48, 55). It is a set of program names found on the search path.
- The public wrappers `ReadAll`, `WriteAll`, `MonitorAll` (clipboard.go:9-22). They only delegate. `Unsupported` (clipboard.go:26) is the `unsupported` field of `Config`.
- Identifiers and timestamps are unbounded naturals. The 32-bit widths never matter, because compression only compares them for equality and copies them.
